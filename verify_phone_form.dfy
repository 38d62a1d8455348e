/** The phone mask of `components/VerifyPhoneForm.tsx`: a '+', one '*' for every
    digit but the last four, then the last four digits. */
module VerifyPhoneForm {
  import opened Prelude

  /** `c` repeated `n` times (`String.prototype.repeat`). */
  function Repeat(c: char, n: nat): (r: string)
    ensures |r| == n
    ensures forall k :: 0 <= k < n ==> r[k] == c
  {
    if n == 0 then [] else [c] + Repeat(c, n - 1)
  }

  /** The masked number shown above the code field. An empty number shows as
      nothing; a number of one to three characters makes `repeat` throw a
      `RangeError` (a negative count), which is `None` here. */
  function MaskedPhone(phone: string): (r: Option<string>)
    ensures phone == [] ==> r == Some([])
    ensures 0 < |phone| < 4 ==> r.None?
    ensures |phone| >= 4 ==>
      && r.Some? && |r.value| == |phone| + 1 && r.value[0] == '+'
      && (forall k :: 1 <= k <= |phone| - 4 ==> r.value[k] == '*')
      && r.value[|phone| - 3..] == phone[|phone| - 4..]
  {
    if phone == [] then Some([])
    else if |phone| < 4 then None
    else Some(['+'] + Repeat('*', |phone| - 4) + phone[|phone| - 4..])
  }

  /** The mask gives away the length and the last four characters and nothing
      else: two numbers that agree on those mask alike. */
  lemma MaskHidesAllButLastFour(a: string, b: string)
    requires |a| == |b| && |a| >= 4
    requires a[|a| - 4..] == b[|b| - 4..]
    ensures MaskedPhone(a) == MaskedPhone(b)
  {
  }
}
