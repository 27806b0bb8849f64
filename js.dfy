/** JavaScript value conventions shared by every script of the site:
    `undefined`/`null` as `None`, truthiness of strings, the `a || b`
    default, `String.prototype.includes`, `toLowerCase`/`toUpperCase` on
    ASCII letters, `split` on one character, and the `null` filter that
    the scripts apply to collected results. */
module Js {

  datatype Option<+T> = None | Some(value: T)

  /** A string attribute is truthy when it is present and not empty. */
  predicate Truthy(s: Option<string>) {
    s.Some? && s.value != ""
  }

  /** `s || fallback` for a string-or-undefined value. */
  function Or(s: Option<string>, fallback: string): (r: string)
    ensures Truthy(s) ==> r == s.value
    ensures !Truthy(s) ==> r == fallback
  {
    if Truthy(s) then s.value else fallback
  }

  /** `s || null`: an empty string becomes `null` as well. */
  function OrNull(s: Option<string>): (r: Option<string>)
    ensures r.Some? <==> Truthy(s)
    ensures r.Some? ==> r == s
  {
    if Truthy(s) then s else None
  }

  // ---------------------------------------------------------------------
  // Substrings

  predicate StartsWith(s: string, prefix: string)
    decreases |prefix|
  {
    |prefix| == 0 || (|s| > 0 && s[0] == prefix[0] && StartsWith(s[1..], prefix[1..]))
  }

  /** `s.includes(sub)`. */
  predicate Contains(s: string, sub: string)
    decreases |s|
  {
    StartsWith(s, sub) || (|s| > 0 && Contains(s[1..], sub))
  }

  lemma {:induction false} StartsWithAppend(prefix: string, rest: string)
    ensures StartsWith(prefix + rest, prefix)
    decreases |prefix|
  {
    if |prefix| > 0 {
      assert (prefix + rest)[1..] == prefix[1..] + rest;
      StartsWithAppend(prefix[1..], rest);
    }
  }

  /** A text that contains `sub` at some position contains it. */
  lemma {:induction false} ContainsInside(before: string, sub: string, after: string)
    ensures Contains(before + sub + after, sub)
    decreases |before|
  {
    if |before| == 0 {
      assert before + sub + after == sub + after;
      StartsWithAppend(sub, after);
    } else {
      assert (before + sub + after)[1..] == before[1..] + sub + after;
      ContainsInside(before[1..], sub, after);
    }
  }

  /** A text without the first character of `sub` cannot contain `sub`. */
  lemma {:induction false} AbsentFirst(s: string, sub: string)
    requires |sub| > 0 && sub[0] !in s
    ensures !Contains(s, sub)
    decreases |s|
  {
    if |s| > 0 {
      AbsentFirst(s[1..], sub);
    }
  }

  lemma {:induction false} StartsWithHas(s: string, prefix: string, k: nat)
    requires StartsWith(s, prefix) && k < |prefix|
    ensures prefix[k] in s
    decreases k
  {
    if k > 0 {
      StartsWithHas(s[1..], prefix[1..], k - 1);
    }
  }

  /** A text without some character of `sub` cannot contain `sub`. */
  lemma {:induction false} AbsentChar(s: string, sub: string, k: nat)
    requires k < |sub| && sub[k] !in s
    ensures !Contains(s, sub)
    decreases |s|
  {
    if StartsWith(s, sub) {
      StartsWithHas(s, sub, k);
    }
    if |s| > 0 {
      AbsentChar(s[1..], sub, k);
    }
  }

  // ---------------------------------------------------------------------
  // Letter case (ASCII letters only)

  function LowerChar(c: char): char {
    if 'A' <= c <= 'Z' then (c as int + 32) as char else c
  }

  function UpperChar(c: char): char {
    if 'a' <= c <= 'z' then (c as int - 32) as char else c
  }

  /** `s.toLowerCase()`. */
  function ToLower(s: string): (r: string)
    ensures |r| == |s|
  {
    if |s| == 0 then "" else [LowerChar(s[0])] + ToLower(s[1..])
  }

  /** `s.toUpperCase()`. */
  function ToUpper(s: string): (r: string)
    ensures |r| == |s|
  {
    if |s| == 0 then "" else [UpperChar(s[0])] + ToUpper(s[1..])
  }

  lemma {:induction false} LowerAppend(s: string, t: string)
    ensures ToLower(s + t) == ToLower(s) + ToLower(t)
  {
    if |s| == 0 {
      assert s + t == t;
    } else {
      assert (s + t)[1..] == s[1..] + t;
      LowerAppend(s[1..], t);
    }
  }

  /** Upper-casing first does not change what `toLowerCase` gives. */
  lemma {:induction false} LowerOfUpper(s: string)
    ensures ToLower(ToUpper(s)) == ToLower(s)
  {
    if |s| > 0 {
      LowerOfUpper(s[1..]);
      assert ToUpper(s)[1..] == ToUpper(s[1..]);
    }
  }

  // ---------------------------------------------------------------------
  // Splitting on one separator character

  /** `s.split(sep)` for a one-character separator: the pieces between
      separators, an empty piece at each end that starts or ends with one. */
  function Split(s: string, sep: char): (r: seq<string>)
    ensures |r| >= 1
  {
    if |s| == 0 then [""]
    else
      var rest := Split(s[1..], sep);
      if s[0] == sep then [""] + rest else [[s[0]] + rest[0]] + rest[1..]
  }

  lemma {:induction false} SplitWithout(s: string, sep: char)
    requires sep !in s
    ensures Split(s, sep) == [s]
  {
    if |s| > 0 {
      SplitWithout(s[1..], sep);
      assert [s[0]] + s[1..] == s;
    }
  }

  /** The first piece ends at the first separator. */
  lemma {:induction false} SplitAt(head: string, sep: char, tail: string)
    requires sep !in head
    ensures Split(head + [sep] + tail, sep) == [head] + Split(tail, sep)
  {
    if |head| == 0 {
      assert head + [sep] + tail == [sep] + tail;
    } else {
      var whole := head + [sep] + tail;
      assert whole[0] == head[0] && whole[1..] == head[1..] + [sep] + tail;
      SplitAt(head[1..], sep, tail);
      assert [head[0]] + head[1..] == head;
    }
  }

  // ---------------------------------------------------------------------
  // Dropping nulls

  /** `results.filter(item => item !== null)`. */
  function Compact<T>(xs: seq<Option<T>>): (r: seq<T>)
    ensures |r| <= |xs|
  {
    if |xs| == 0 then []
    else (if xs[0].Some? then [xs[0].value] else []) + Compact(xs[1..])
  }

  /** Filtering distributes over concatenation, so the survivors keep the
      order they had in the input. */
  lemma {:induction false} CompactAppend<T>(xs: seq<Option<T>>, ys: seq<Option<T>>)
    ensures Compact(xs + ys) == Compact(xs) + Compact(ys)
  {
    if |xs| == 0 {
      assert xs + ys == ys;
    } else {
      var zs := xs + ys;
      assert zs[0] == xs[0] && zs[1..] == xs[1..] + ys;
      CompactAppend(xs[1..], ys);
      calc {
        Compact(zs);
        (if xs[0].Some? then [xs[0].value] else []) + Compact(xs[1..] + ys);
        (if xs[0].Some? then [xs[0].value] else []) + (Compact(xs[1..]) + Compact(ys));
      }
    }
  }

  /** An element survives exactly when it was present in the input. */
  lemma {:induction false} CompactMembers<T>(xs: seq<Option<T>>, x: T)
    ensures x in Compact(xs) <==> Some(x) in xs
  {
    if |xs| > 0 {
      CompactMembers(xs[1..], x);
      assert xs == [xs[0]] + xs[1..];
    }
  }

  /** Each present entry lands right after the survivors of the entries
      before it. */
  lemma CompactAt<T>(xs: seq<Option<T>>, i: nat)
    requires i < |xs| && xs[i].Some?
    ensures |Compact(xs[..i])| < |Compact(xs)|
    ensures Compact(xs)[|Compact(xs[..i])|] == xs[i].value
  {
    assert xs == xs[..i] + ([xs[i]] + xs[i + 1..]);
    CompactAppend(xs[..i], [xs[i]] + xs[i + 1..]);
    CompactAppend([xs[i]], xs[i + 1..]);
    assert Compact([xs[i]]) == [xs[i].value];
  }

  /** The result is as long as the number of present entries. */
  function CountPresent<T>(xs: seq<Option<T>>): nat {
    if |xs| == 0 then 0 else (if xs[0].Some? then 1 else 0) + CountPresent(xs[1..])
  }

  lemma {:induction false} CompactLength<T>(xs: seq<Option<T>>)
    ensures |Compact(xs)| == CountPresent(xs)
  {
    if |xs| > 0 {
      CompactLength(xs[1..]);
    }
  }

  /** Only present entries: nothing is dropped. */
  lemma {:induction false} AllPresentCount<T>(xs: seq<Option<T>>)
    requires forall i :: 0 <= i < |xs| ==> xs[i].Some?
    ensures CountPresent(xs) == |xs|
  {
    if |xs| > 0 {
      AllPresentCount(xs[1..]);
    }
  }

  /** No present entry: everything is dropped. */
  lemma {:induction false} NonePresentCount<T>(xs: seq<Option<T>>)
    requires forall i :: 0 <= i < |xs| ==> xs[i].None?
    ensures CountPresent(xs) == 0
  {
    if |xs| > 0 {
      NonePresentCount(xs[1..]);
    }
  }
}
