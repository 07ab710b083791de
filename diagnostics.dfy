/** The diagnostic block counter of render(): a static counter tested with a
    post-increment against the report threshold. */
module Diagnostics {
  /** The value the counter is compared with before it is incremented. */
  const REPORT_AT: int := 1000

  /** One completed block: report when the counter held REPORT_AT, then reset
      it; otherwise just increment it. */
  datatype CountStep = CountStep(report: bool, next: int)

  function Tally(count: int): (s: CountStep)
    ensures s.report <==> count == REPORT_AT
    ensures s.next == if s.report then 0 else count + 1
  {
    if count == REPORT_AT then CountStep(true, 0) else CountStep(false, count + 1)
  }

  /** The counter after `k` completed blocks, from its initial value 0. */
  function CountAfter(k: nat): int
    decreases k
  {
    if k == 0 then 0 else Tally(CountAfter(k - 1)).next
  }

  /** Because the comparison reads the counter before the increment, the
      counter cycles through REPORT_AT + 1 values: block k (counted from 0)
      reports if and only if k leaves remainder REPORT_AT modulo
      REPORT_AT + 1, i.e. one report every 1001 blocks. */
  lemma {:induction false} ReportSchedule(k: nat)
    ensures CountAfter(k) == k % (REPORT_AT + 1)
    ensures Tally(CountAfter(k)).report <==> k % (REPORT_AT + 1) == REPORT_AT
    decreases k
  {
    if k > 0 {
      ReportSchedule(k - 1);
    }
  }
}
