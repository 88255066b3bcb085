/**
 * The greeting at the top of the dashboard (src/app/dashboard/page.tsx:16):
 * "Good morning", "Good afternoon" or "Good evening" by the hour of the
 * local clock.
 */
module Dashboard {

  /** What `Date.prototype.getHours` returns. */
  type Hour = h: int | 0 <= h < 24

  const Morning := "morning"
  const Afternoon := "afternoon"
  const Evening := "evening"

  /**
   * The conditional as written: it reads the clock once for the first test
   * and again for the second, so it sees two hours.
   */
  function GreetingAsWritten(first: Hour, second: Hour): string {
    if first < 12 then Morning else if second < 18 then Afternoon else Evening
  }

  /** The greeting for the hour of a single clock read. */
  function Greeting(hour: Hour): (g: string)
    ensures g == Morning <==> hour < 12
    ensures g == Afternoon <==> 12 <= hour < 18
    ensures g == Evening <==> 18 <= hour
  {
    if hour < 12 then Morning else if hour < 18 then Afternoon else Evening
  }

  /** The place of a greeting in the day. */
  function Rank(g: string): nat {
    if g == Morning then 0 else if g == Afternoon then 1 else 2
  }

  /** Every hour gets exactly one of the three greetings, and later hours never get earlier ones. */
  lemma GreetingOrdered(h1: Hour, h2: Hour)
    ensures Greeting(h1) in {Morning, Afternoon, Evening}
    ensures h1 <= h2 ==> Rank(Greeting(h1)) <= Rank(Greeting(h2))
  {
  }

  /** While the two reads see the same hour, the conditional is the three-way split. */
  lemma AsWrittenAgrees(first: Hour, second: Hour)
    requires first == second || first < 12 || (12 <= second && first <= second && second <= 17)
    ensures GreetingAsWritten(first, second) == Greeting(first)
  {
  }

  /**
   * Across midnight the first read can see hour 23 and the second hour 0:
   * the page then greets "afternoon", which neither hour calls for.
   */
  lemma MidnightRace()
    ensures GreetingAsWritten(23, 0) == Afternoon
    ensures Greeting(23) == Evening && Greeting(0) == Morning
  {
  }

  /** Whenever the first read is in the evening and the second in the morning, both are contradicted. */
  lemma AsWrittenAcrossMidnight(first: Hour, second: Hour)
    requires 18 <= first && second < 12
    ensures GreetingAsWritten(first, second) != Greeting(first)
    ensures GreetingAsWritten(first, second) != Greeting(second)
  {
  }
}
