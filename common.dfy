/** Shared value types and list operations used by every section of the console. */
module Common {

  datatype Option<T> = None | Some(value: T)

  /** JavaScript truthiness of an optional string: absent and "" are both falsy. */
  predicate Truthy(o: Option<string>) {
    o.Some? && o.value != ""
  }

  /** `o || fallback` for an optional string. */
  function OrElse(o: Option<string>, fallback: string): (r: string)
    ensures Truthy(o) ==> Some(r) == o
    ensures !Truthy(o) ==> r == fallback
    ensures fallback != "" ==> r != ""
  {
    if Truthy(o) then o.value else fallback
  }

  /** Array.prototype.filter: keeps, in order, the elements that satisfy p. */
  function Filter<T>(s: seq<T>, p: T -> bool): (r: seq<T>)
    ensures |r| <= |s|
    ensures forall i :: 0 <= i < |r| ==> r[i] in s && p(r[i])
    ensures forall i :: 0 <= i < |s| && p(s[i]) ==> s[i] in r
  {
    if s == [] then [] else (if p(s[0]) then [s[0]] else []) + Filter(s[1..], p)
  }

  /** Filtering distributes over concatenation, so the kept elements stay in their original order. */
  lemma {:induction false} FilterConcat<T>(a: seq<T>, b: seq<T>, p: T -> bool)
    ensures Filter(a + b, p) == Filter(a, p) + Filter(b, p)
  {
    if a == [] {
      assert a + b == b;
    } else {
      assert (a + b)[0] == a[0];
      assert (a + b)[1..] == a[1..] + b;
      FilterConcat(a[1..], b, p);
    }
  }

  /** A filter keeps every copy of an element it selects and none of one it rejects. */
  lemma {:induction false} FilterMultiplicity<T>(s: seq<T>, p: T -> bool, x: T)
    ensures multiset(Filter(s, p))[x] == if p(x) then multiset(s)[x] else 0
  {
    if s != [] {
      FilterMultiplicity(s[1..], p, x);
      assert s == [s[0]] + s[1..];
    }
  }

  /** A filter whose predicate holds everywhere keeps the whole list. */
  lemma {:induction false} FilterKeepsAll<T>(s: seq<T>, p: T -> bool)
    requires forall i :: 0 <= i < |s| ==> p(s[i])
    ensures Filter(s, p) == s
  {
    if s != [] {
      FilterKeepsAll(s[1..], p);
    }
  }

  /** A filter whose predicate holds nowhere keeps nothing. */
  lemma {:induction false} FilterNone<T>(s: seq<T>, p: T -> bool)
    requires forall i :: 0 <= i < |s| ==> !p(s[i])
    ensures Filter(s, p) == []
  {
    if s != [] {
      FilterNone(s[1..], p);
    }
  }

  /** `s.filter((_, j) => j !== i)`: every element whose position differs from i. */
  function WithoutIndex<T>(s: seq<T>, i: int): (r: seq<T>)
    ensures 0 <= i < |s| ==> r == s[..i] + s[i + 1..]
    ensures !(0 <= i < |s|) ==> r == s
    decreases |s|
  {
    if s == [] then []
    else
      var rest := WithoutIndex(s[1..], i - 1);
      assert 0 <= i - 1 < |s[1..]| ==> s[1..][..i - 1] == s[1..i] && s[1..][i..] == s[i + 1..];
      (if i == 0 then [] else [s[0]]) + rest
  }

  /** Removing position i shortens the list by one and shifts only the elements after i. */
  lemma WithoutIndexAt<T>(s: seq<T>, i: int, k: int)
    requires 0 <= i < |s| && 0 <= k < |s| - 1
    ensures |WithoutIndex(s, i)| == |s| - 1
    ensures WithoutIndex(s, i)[k] == if k < i then s[k] else s[k + 1]
  {
  }

  /** The set of keys f picks out of a list (what `new Set(list.map(f))` holds). */
  function Image<T, U(!new)>(s: seq<T>, f: T -> U): (r: set<U>)
    ensures forall i :: 0 <= i < |s| ==> f(s[i]) in r
    ensures forall y :: y in r ==> exists i :: 0 <= i < |s| && f(s[i]) == y
  {
    if s == [] then {}
    else
      var rest := Image(s[1..], f);
      assert forall y :: y in rest ==> exists i :: 0 <= i < |s| && f(s[i]) == y by {
        forall y | y in rest ensures exists i :: 0 <= i < |s| && f(s[i]) == y {
          var j :| 0 <= j < |s[1..]| && f(s[1..][j]) == y;
          assert f(s[j + 1]) == y;
        }
      }
      {f(s[0])} + rest
  }

  /** A list has at most as many distinct keys as elements, and a non-empty list has at least one. */
  lemma {:induction false} ImageSize<T, U(!new)>(s: seq<T>, f: T -> U)
    ensures |Image(s, f)| <= |s|
    ensures s != [] ==> |Image(s, f)| >= 1
  {
    if s != [] {
      ImageSize(s[1..], f);
      var rest := Image(s[1..], f);
      assert Image(s, f) == {f(s[0])} + rest;
      assert |{f(s[0])} + rest| <= |{f(s[0])}| + |rest|;
      assert f(s[0]) in Image(s, f);
    }
  }

  /** Effect of a mutation hook's onSuccess: the cache key prefixes it invalidates and the toast it shows. */
  datatype Toast = SuccessToast(text: string) | ErrorToast(text: string) | InfoToast(text: string)
  datatype MutationEffect = MutationEffect(invalidated: set<string>, toast: Toast)

  /**
   * The onSuccess rule shared by the appointment and student hooks: the reply must carry both the
   * entity and a non-empty message; only then is the resource key invalidated.
   */
  function SuccessGate(hasEntity: bool, message: Option<string>, key: string, okText: string, failText: string): (e: MutationEffect)
    ensures e.invalidated == {} || e.invalidated == {key}
    ensures key in e.invalidated <==> hasEntity && Truthy(message)
    ensures e.toast.SuccessToast? <==> key in e.invalidated
    ensures e.toast == (if e.toast.SuccessToast? then SuccessToast(okText) else ErrorToast(failText))
  {
    if hasEntity && Truthy(message) then MutationEffect({key}, SuccessToast(okText))
    else MutationEffect({}, ErrorToast(failText))
  }

  /**
   * How a mutation request settled: a reply, with whether it carries the entity and its message,
   * or a failure, with the server's `mensagem` if the error response had one.
   */
  datatype MutationOutcome = Replied(hasEntity: bool, message: Option<string>) | Failed(mensagem: Option<string>)

  /**
   * A mutation hook with both handlers: onSuccess runs SuccessGate on a reply; onError shows the
   * server's text, or the fixed fallback when it is absent or empty, and invalidates nothing.
   */
  function Settle(outcome: MutationOutcome, key: string, okText: string, failText: string, errorFallback: string): (e: MutationEffect)
    ensures key in e.invalidated <==> outcome.Replied? && outcome.hasEntity && Truthy(outcome.message)
    ensures e.toast.SuccessToast? <==> key in e.invalidated
    ensures outcome.Replied? ==> e == SuccessGate(outcome.hasEntity, outcome.message, key, okText, failText)
    ensures outcome.Failed? && Truthy(outcome.mensagem) ==> e == MutationEffect({}, ErrorToast(outcome.mensagem.value))
    ensures outcome.Failed? && !Truthy(outcome.mensagem) ==> e == MutationEffect({}, ErrorToast(errorFallback))
  {
    match outcome
    case Replied(hasEntity, message) => SuccessGate(hasEntity, message, key, okText, failText)
    case Failed(mensagem) => MutationEffect({}, ErrorToast(OrElse(mensagem, errorFallback)))
  }

  /** A table lookup with a fallback: what a `switch` over strings with a `default` branch does. */
  function Lookup(table: map<string, string>, key: string, fallback: string): (r: string)
    ensures key in table ==> r == table[key]
    ensures key !in table ==> r == fallback
  {
    if key in table then table[key] else fallback
  }
}
