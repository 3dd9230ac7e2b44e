/** Control-session identifiers: a 64-bit counter that starts at one, wraps, and never yields zero. */
module SessionIds {

  const WORD := 0x1_0000_0000_0000_0000

  function FetchAdd(counter: nat): nat {
    (counter + 1) % WORD
  }

  class SessionCounter {
    var counter: nat

    constructor ()
      ensures counter == 1
    {
      counter := 1;
    }

    /** `next_session_id`: skip the zero the counter yields after wrapping. */
    method NextSessionId() returns (id: nat)
      requires counter < WORD
      modifies this
      ensures counter < WORD
      ensures (id, counter) == NextId(old(counter))
    {
      id := counter;
      counter := FetchAdd(counter);
      while id == 0
        invariant counter < WORD
        invariant NextId(old(counter)) == if id == 0 then NextId(counter) else (id, counter)
        invariant id == 0 ==> counter != 0
        decreases id == 0
      {
        id := counter;
        counter := FetchAdd(counter);
      }
    }
  }

  function NextId(counter: nat): (nat, nat) {
    if counter != 0 then (counter, FetchAdd(counter)) else (FetchAdd(0), FetchAdd(FetchAdd(0)))
  }

  /** The counter before the `k`-th session, counting from zero. */
  function CounterAt(k: nat): nat {
    if k == 0 then 1 else NextId(CounterAt(k - 1)).1
  }

  function IdAt(k: nat): nat {
    NextId(CounterAt(k)).0
  }

  lemma {:induction false} IdAtClosedForm(k: nat)
    ensures IdAt(k) == 1 + k % (WORD - 1)
    ensures CounterAt(k) == if k > 0 && k % (WORD - 1) == 0 then 0 else 1 + k % (WORD - 1)
  {
    if k > 0 {
      IdAtClosedForm(k - 1);
      NextRemainder(k);
    }
  }

  lemma NextRemainder(k: nat)
    requires k > 0
    ensures k % (WORD - 1) == if (k - 1) % (WORD - 1) + 1 == WORD - 1 then 0 else (k - 1) % (WORD - 1) + 1
  {
  }

  /** No session is ever given identifier zero, and two sessions share one only a full period apart. */
  lemma IdsCollideOnlyAfterAFullPeriod(j: nat, k: nat)
    requires j < k
    ensures 1 <= IdAt(k) < WORD
    ensures IdAt(j) == IdAt(k) <==> (k - j) % (WORD - 1) == 0
  {
    IdAtClosedForm(j);
    IdAtClosedForm(k);
    var period := WORD - 1;
    SameRemainder(k / period, k % period, j / period, j % period, (k - j) / period, (k - j) % period);
  }

  lemma SameRemainder(qk: int, rk: int, qj: int, rj: int, qd: int, rd: int)
    requires 0 <= rk < WORD - 1 && 0 <= rj < WORD - 1 && 0 <= rd < WORD - 1
    requires (WORD - 1) * qk + rk == (WORD - 1) * qj + rj + (WORD - 1) * qd + rd
    ensures rj == rk <==> rd == 0
  {
  }
}
