/** The numbered-menu choice shared by the term and track prompts: the list
    is printed as [1] .. [n] and the user's answer picks one entry. */
module Selection {
  import opened Base

  /** Choosing from `list` with the answer read from the console (`None` when
      the read failed). The emptiness check comes before the prompt. */
  function Choose<T>(list: seq<T>, answer: Option<int>): (r: Result<T>)
    ensures r.Ok? <==> |list| > 0 && answer.Some? && 1 <= answer.value <= |list|
    ensures r.Ok? ==> r.value == list[answer.value - 1]
    ensures |list| == 0 ==> r == Err(NoEntries)
    ensures |list| > 0 && answer.None? ==> r == Err(InputFailed)
    ensures |list| > 0 && answer.Some? && !(1 <= answer.value <= |list|)
            ==> r == Err(InvalidSelection(answer.value))
  {
    if |list| == 0 then Err(NoEntries)
    else match answer
      case None => Err(InputFailed)
      case Some(n) => if n < 1 || n > |list| then Err(InvalidSelection(n)) else Ok(list[n - 1])
  }

  /** Every entry of a non-empty menu is reachable by exactly one answer:
      answer i + 1 picks entry i, and two answers that both succeed on a list
      without repeats pick different entries. */
  lemma ChooseIsBijective<T>(list: seq<T>, i: int, a: int, b: int)
    requires 0 <= i < |list|
    requires Distinct(list)
    ensures Choose(list, Some(i + 1)) == Ok(list[i])
    ensures Choose(list, Some(a)).Ok? && Choose(list, Some(b)).Ok? && a != b
            ==> Choose(list, Some(a)).value != Choose(list, Some(b)).value
  {
    if Choose(list, Some(a)).Ok? && Choose(list, Some(b)).Ok? && a != b {
      if a < b {
        assert list[a - 1] != list[b - 1];
      } else {
        assert list[b - 1] != list[a - 1];
      }
    }
  }
}
