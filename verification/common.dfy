/** Shared vocabulary: optional values, backend replies, and the small
    sequence and string operations the stores and forms are built from. */
module Common {

  /** The conventional Some/None datatype, standing in for JavaScript's
      `null` / `undefined`. */
  datatype Option<+T> = None | Some(value: T)

  /** The outcome of one call into the hosted backend, as the stores see it:
      the `data` of the reply, or the `error` it carried. An error whose
      message is empty stands for an error object without a message. */
  datatype Reply<+T> = Ok(data: T) | Err(message: string)

  /** `error.message || fallback`: an empty message falls back to the
      store's fixed text. */
  function ErrorText(message: string, fallback: string): string
  {
    if message == "" then fallback else message
  }

  /** `data || []` for a list the backend may return as `null`. */
  function OrEmpty<T>(data: Option<seq<T>>): seq<T>
  {
    match data
    case Some(xs) => xs
    case None => []
  }

  /** The index of the first element satisfying `p`, or `|xs|` when there is
      none: the position where a left-to-right scan stops. */
  function FirstIndex<T>(xs: seq<T>, p: T -> bool): (k: nat)
    ensures k <= |xs|
    ensures forall j :: 0 <= j < k ==> !p(xs[j])
    ensures k < |xs| ==> p(xs[k])
  {
    if |xs| == 0 then 0
    else if p(xs[0]) then 0
    else 1 + FirstIndex(xs[1..], p)
  }

  /** `Array.prototype.filter`: the elements satisfying `p`, in their order. */
  function Filter<T>(xs: seq<T>, p: T -> bool): (r: seq<T>)
    ensures |r| <= |xs|
    ensures forall i :: 0 <= i < |r| ==> r[i] in xs && p(r[i])
    ensures forall i :: 0 <= i < |xs| && p(xs[i]) ==> xs[i] in r
  {
    if |xs| == 0 then []
    else (if p(xs[0]) then [xs[0]] else []) + Filter(xs[1..], p)
  }

  /** `a` can be obtained from `b` by deleting elements. */
  ghost predicate IsSubsequence<T>(a: seq<T>, b: seq<T>)
    decreases |b|
  {
    |a| == 0 ||
    (|b| > 0 && ((a[0] == b[0] && IsSubsequence(a[1..], b[1..])) || IsSubsequence(a, b[1..])))
  }

  /** Filtering keeps the relative order of the elements it keeps. */
  lemma {:induction false} FilterIsSubsequence<T>(xs: seq<T>, p: T -> bool)
    ensures IsSubsequence(Filter(xs, p), xs)
  {
    if |xs| > 0 {
      FilterIsSubsequence(xs[1..], p);
      if p(xs[0]) {
        assert Filter(xs, p) == [xs[0]] + Filter(xs[1..], p);
        assert Filter(xs, p)[1..] == Filter(xs[1..], p);
      } else {
        assert Filter(xs, p) == Filter(xs[1..], p);
      }
    }
  }

  /** Filtering with a predicate every element satisfies changes nothing. */
  lemma {:induction false} FilterAll<T>(xs: seq<T>, p: T -> bool)
    requires forall x :: x in xs ==> p(x)
    ensures Filter(xs, p) == xs
  {
    if |xs| > 0 {
      assert xs[0] in xs;
      forall x | x in xs[1..] ensures p(x) {
        assert x in xs;
      }
      FilterAll(xs[1..], p);
      assert [xs[0]] + xs[1..] == xs;
    }
  }

  /** ASCII lower-casing of one character. */
  function LowerChar(c: char): char
  {
    if 'A' <= c <= 'Z' then (c as int + 32) as char else c
  }

  /** `toLowerCase`, restricted to the ASCII letters. */
  function Lower(s: string): (r: string)
    ensures |r| == |s|
    ensures forall i :: 0 <= i < |s| ==> r[i] == LowerChar(s[i])
  {
    if |s| == 0 then "" else [LowerChar(s[0])] + Lower(s[1..])
  }

  /** `text.includes(part)`: `part` occurs in `text` as a contiguous block. */
  predicate Contains(text: string, part: string)
    decreases |text|
  {
    part <= text || (|text| > 0 && Contains(text[1..], part))
  }

  /** A match found by `Contains` sits at some offset of `text`. */
  lemma {:induction false} ContainsWitness(text: string, part: string) returns (i: nat)
    requires Contains(text, part)
    ensures i + |part| <= |text| && part <= text[i..]
    decreases |text|
  {
    if part <= text {
      i := 0;
    } else {
      var j := ContainsWitness(text[1..], part);
      assert text[1..][j..] == text[j + 1..];
      i := j + 1;
    }
  }

  /** A copy of `part` at any offset of `text` is found by `Contains`. */
  lemma {:induction false} ContainsFromOffset(text: string, part: string, i: nat)
    requires i + |part| <= |text| && part <= text[i..]
    ensures Contains(text, part)
    decreases i
  {
    if i > 0 {
      assert text[1..][i - 1..] == text[i..];
      ContainsFromOffset(text[1..], part, i - 1);
    }
  }

  /** `Contains` agrees with the positional reading of `includes`: some
      offset of `text` starts a copy of `part`. */
  lemma ContainsAt(text: string, part: string)
    ensures Contains(text, part) <==> exists i: nat :: i + |part| <= |text| && part <= text[i..]
  {
    if Contains(text, part) {
      var i := ContainsWitness(text, part);
    }
    if exists i: nat :: i + |part| <= |text| && part <= text[i..] {
      var i: nat :| i + |part| <= |text| && part <= text[i..];
      ContainsFromOffset(text, part, i);
    }
  }

  /** The decimal digits of `n`, as `String(n)` renders a non-negative
      integer. */
  function DecimalText(n: nat): (r: string)
    ensures |r| > 0
    ensures forall i :: 0 <= i < |r| ==> '0' <= r[i] <= '9'
  {
    if n < 10 then [DigitChar(n)] else DecimalText(n / 10) + [DigitChar(n % 10)]
  }

  function DigitChar(d: nat): char
    requires d < 10
  {
    ('0' as int + d) as char
  }
}
