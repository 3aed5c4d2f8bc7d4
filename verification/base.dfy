/** Shared result types and sequence helpers used by every module of the
    grade-scraper model. */
module Base {

  datatype Option<+T> = None | Some(value: T)

  /** The error kinds the scraper reports. Go returns wrapped `error` values;
      only the kind matters to the decisions modelled here. */
  datatype Error =
    | SendFailed              // the HTTP client could not send or receive
    | BuildFailed             // a request could not be constructed (net/http only)
    | BadStatus(code: int)    // a reply whose status is not 200
    | ReadFailed              // the reply body could not be read (net/http only)
    | Malformed               // a JSON document could not be decoded
    | FileUnreadable          // a local file could not be read
    | WriteFailed             // a local file could not be written
    | NoEntries               // an empty selection list
    | InputFailed             // reading the interactive answer failed
    | InvalidSelection(n: int)
    | InvalidYear(year: string)
    | InvalidOption(n: int)
    | LoginRejected

  datatype Result<+T> = Ok(value: T) | Err(error: Error)

  /** An operation that only succeeds or fails (Go functions returning `error`). */
  datatype Outcome = Pass | Fail(error: Error)

  /** The integers lo, lo+1, ..., hi-1 in increasing order. */
  function Range(lo: int, hi: int): (r: seq<int>)
    ensures |r| == if lo <= hi then hi - lo else 0
    ensures forall k :: 0 <= k < |r| ==> r[k] == lo + k
  {
    seq(if lo <= hi then hi - lo else 0, k => lo + k)
  }

  /** A sequence without repeated elements. */
  ghost predicate Distinct<T>(s: seq<T>) {
    forall j, k :: 0 <= j < k < |s| ==> s[j] != s[k]
  }

  /** `sub` is obtained from `s` by deleting elements, keeping the order. */
  predicate IsSubsequence<T(==)>(sub: seq<T>, s: seq<T>)
    decreases |s|
  {
    if |sub| == 0 then true
    else if |s| == 0 then false
    else if sub[0] == s[0] then IsSubsequence(sub[1..], s[1..])
    else IsSubsequence(sub, s[1..])
  }

  /** Extending both sides, or only the longer one, keeps a subsequence. */
  lemma {:induction false} SubsequenceSnoc<T>(sub: seq<T>, s: seq<T>, x: T)
    requires IsSubsequence(sub, s)
    ensures IsSubsequence(sub, s + [x])
    ensures IsSubsequence(sub + [x], s + [x])
    decreases |s|
  {
    if |s| == 0 {
      assert sub == [];
      assert ([] + [x])[1..] == [];
    } else {
      assert (s + [x])[1..] == s[1..] + [x];
      if |sub| == 0 {
        assert IsSubsequence(sub, s[1..]);
        SubsequenceSnoc(sub, s[1..], x);
        assert sub + [x] == [x];
      } else {
        assert (sub + [x])[1..] == sub[1..] + [x];
        if sub[0] == s[0] {
          SubsequenceSnoc(sub[1..], s[1..], x);
        } else {
          SubsequenceSnoc(sub, s[1..], x);
        }
      }
    }
  }

  /** The elements of `s` that `keep` accepts, in order. */
  function Filter<T>(s: seq<T>, keep: T -> bool): (r: seq<T>)
    ensures |r| <= |s|
  {
    if |s| == 0 then []
    else Filter(s[..|s| - 1], keep) + (if keep(s[|s| - 1]) then [s[|s| - 1]] else [])
  }

  /** The elements of `s` that `keep` rejects, in order. */
  function Reject<T>(s: seq<T>, keep: T -> bool): (r: seq<T>)
    ensures |r| <= |s|
  {
    if |s| == 0 then []
    else Reject(s[..|s| - 1], keep) + (if keep(s[|s| - 1]) then [] else [s[|s| - 1]])
  }

  /** Growing a prefix by one element extends its filter and its reject
      by that element on the matching side. */
  lemma FilterStep<T>(s: seq<T>, i: int, keep: T -> bool)
    requires 0 <= i < |s|
    ensures Filter(s[..i + 1], keep) == Filter(s[..i], keep) + (if keep(s[i]) then [s[i]] else [])
    ensures Reject(s[..i + 1], keep) == Reject(s[..i], keep) + (if keep(s[i]) then [] else [s[i]])
  {
    assert s[..i + 1][..i] == s[..i];
  }

  /** Every element is either kept or rejected. */
  lemma {:induction false} FilterCount<T>(s: seq<T>, keep: T -> bool)
    ensures |Filter(s, keep)| + |Reject(s, keep)| == |s|
  {
    if |s| > 0 {
      FilterCount(s[..|s| - 1], keep);
    }
  }

  /** Filtering keeps exactly the accepted elements, in their order, and
      every element is either kept or rejected. */
  lemma {:induction false} FilterLaws<T>(s: seq<T>, keep: T -> bool)
    ensures forall x :: x in Filter(s, keep) <==> x in s && keep(x)
    ensures forall x :: x in Reject(s, keep) <==> x in s && !keep(x)
    ensures IsSubsequence(Filter(s, keep), s)
    ensures |Filter(s, keep)| + |Reject(s, keep)| == |s|
  {
    if |s| > 0 {
      var init, last := s[..|s| - 1], s[|s| - 1];
      FilterLaws(init, keep);
      assert s == init + [last];
      SubsequenceSnoc(Filter(init, keep), init, last);
      if !keep(last) {
        assert Filter(s, keep) == Filter(init, keep);
      } else {
        assert Reject(s, keep) == Reject(init, keep);
      }
    }
  }
}
