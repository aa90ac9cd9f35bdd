// What several parts of the model share.
module Common {

  datatype Option<+T> = None | Some(value: T)

  /** The id of a workflow. */
  type WorkflowId = string

  predicate Distinct<T(==)>(xs: seq<T>) {
    forall i, j :: 0 <= i < j < |xs| ==> xs[i] != xs[j]
  }

  /** How many elements of `s` satisfy `p`. */
  function Count<T>(s: seq<T>, p: T -> bool): nat {
    if s == [] then 0 else Count(s[..|s| - 1], p) + if p(s[|s| - 1]) then 1 else 0
  }

  lemma {:induction false} CountFirst<T>(s: seq<T>, p: T -> bool)
    requires s != []
    ensures Count(s, p) == Count(s[1..], p) + if p(s[0]) then 1 else 0
  {
    var last := |s| - 1;
    if last > 0 {
      CountFirst(s[..last], p);
      assert s[..last][1..] == s[1..][..last - 1];
    }
  }

  lemma CountAppend<T>(s: seq<T>, x: T, p: T -> bool)
    ensures Count(s + [x], p) == Count(s, p) + if p(x) then 1 else 0
  {
    assert (s + [x])[..|s|] == s;
  }

  lemma {:induction false} CountUpdate<T>(s: seq<T>, i: nat, x: T, p: T -> bool)
    requires i < |s|
    ensures Count(s[i := x], p) == Count(s, p) + (if p(x) then 1 else 0) - (if p(s[i]) then 1 else 0)
  {
    var last := |s| - 1;
    if i == last {
      assert s[i := x][..last] == s[..last];
    } else {
      assert s[i := x][..last] == s[..last][i := x];
      CountUpdate(s[..last], i, x, p);
    }
  }

  lemma {:induction false} CountZero<T>(s: seq<T>, p: T -> bool)
    ensures Count(s, p) == 0 <==> forall i :: 0 <= i < |s| ==> !p(s[i])
  {
    if s != [] {
      var last := |s| - 1;
      CountZero(s[..last], p);
      assert forall i :: 0 <= i < last ==> s[..last][i] == s[i];
    }
  }

  /** `word` occurs in `text`. */
  predicate Includes(text: string, word: string)
    decreases |text|
  {
    word <= text || (text != [] && Includes(text[1..], word))
  }

  lemma {:induction false} IncludesExactly(text: string, word: string)
    ensures Includes(text, word) <==> exists i :: 0 <= i <= |text| && word <= text[i..]
    decreases |text|
  {
    assert text[0..] == text;
    if text != [] {
      IncludesExactly(text[1..], word);
      assert forall i :: 0 <= i < |text| ==> text[1..][i..] == text[i + 1..];
      if i :| 0 < i <= |text| && word <= text[i..] {
        assert text[1..][i - 1..] == text[i..];
      }
    }
  }
}
