/**
 * The quadrature decoders of the Haplink motors (haplink_encoders.c).
 *
 * Each motor encoder has two channels, s1 and s2, read as GPIO levels 0 or 1.
 * The EXTI15_10 interrupt handler reads both channels of the motor whose line
 * is pending, compares them with the levels of the previous event and moves
 * the count by one step forwards or backwards; the previous levels then become
 * the current ones.
 */
module Encoders {

  import Exti
  import Bits

  /** A level read by GPIOReadInputDataBit. */
  predicate IsLevel(x: nat)
  {
    x == 0 || x == 1
  }

  /** C's logical negation `!x` of a `uint8_t`. */
  function CNot(x: nat): nat
  {
    if x == 0 then 1 else 0
  }

  /** The handler's test for a count change, from previous levels (p1, p2)
    * to current levels (s1, s2). */
  predicate Moved(p1: nat, p2: nat, s1: nat, s2: nat)
  {
    (p1 == p2 && s1 == CNot(s2)) || (s1 == s2 && p1 == CNot(p2))
  }

  /** The handler's test for a clockwise step. */
  predicate Forward(p1: nat, p2: nat, s1: nat, s2: nat)
  {
    s2 == p1 && s1 == CNot(p2)
  }

  /** What one event adds to the count. */
  function Delta(p1: nat, p2: nat, s1: nat, s2: nat): int
  {
    if Moved(p1, p2, s1, s2) then (if Forward(p1, p2, s1, s2) then 1 else -1) else 0
  }

  /** The count changes iff exactly one of the two channels changed level;
    * when both flip, nothing is counted. */
  lemma MovedIffOneChannel(p1: nat, p2: nat, s1: nat, s2: nat)
    requires IsLevel(p1) && IsLevel(p2) && IsLevel(s1) && IsLevel(s2)
    ensures Moved(p1, p2, s1, s2) <==> ((p1 != s1) != (p2 != s2))
    ensures Delta(p1, p2, s1, s2) != 0 <==> ((p1 != s1) != (p2 != s2))
  {
  }

  /** The position of levels (a, b) on the Gray cycle 00, 10, 11, 01. */
  function Phase(a: nat, b: nat): (k: nat)
    requires IsLevel(a) && IsLevel(b)
    ensures k < 4
  {
    if a == 0 && b == 0 then 0
    else if a == 1 && b == 0 then 1
    else if a == 1 && b == 1 then 2
    else 3
  }

  /** A step forwards along the Gray cycle counts +1, a step backwards -1,
    * and staying or jumping two places counts 0. */
  lemma DeltaPhase(p1: nat, p2: nat, s1: nat, s2: nat)
    requires IsLevel(p1) && IsLevel(p2) && IsLevel(s1) && IsLevel(s2)
    ensures Delta(p1, p2, s1, s2) == 1 <==> Phase(s1, s2) == (Phase(p1, p2) + 1) % 4
    ensures Delta(p1, p2, s1, s2) == -1 <==> Phase(s1, s2) == (Phase(p1, p2) + 3) % 4
    ensures Delta(p1, p2, s1, s2) == 0 <==> Phase(s1, s2) % 2 == Phase(p1, p2) % 2
  {
  }

  /** A single-channel step followed by its exact reverse counts nothing. */
  lemma ReverseCancels(p1: nat, p2: nat, s1: nat, s2: nat)
    requires IsLevel(p1) && IsLevel(p2) && IsLevel(s1) && IsLevel(s2)
    ensures Delta(p1, p2, s1, s2) + Delta(s1, s2, p1, p2) == 0
  {
  }

  /** A pair of levels read from the two channels. */
  datatype Reading = Reading(s1: nat, s2: nat)

  predicate IsReading(r: Reading)
  {
    IsLevel(r.s1) && IsLevel(r.s2)
  }

  /** The total the handler counts over the events `path`, starting from the
    * previous levels `p`. */
  function Total(p: Reading, path: seq<Reading>): int
    decreases |path|
  {
    if |path| == 0 then 0
    else Delta(p.s1, p.s2, path[0].s1, path[0].s2) + Total(path[0], path[1..])
  }

  /** The levels after the events `path`. */
  function Last(p: Reading, path: seq<Reading>): Reading
  {
    if |path| == 0 then p else path[|path| - 1]
  }

  /** The event from `a` to `b` does not flip both channels at once. */
  predicate SingleStep(a: Reading, b: Reading)
  {
    !(a.s1 != b.s1 && a.s2 != b.s2)
  }

  /** The levels before event `i` of `path`. */
  function Before(p: Reading, path: seq<Reading>, i: nat): Reading
    requires i < |path|
  {
    if i == 0 then p else path[i - 1]
  }

  /** No event of `path` flips both channels at once. */
  predicate NoDoubleFlips(p: Reading, path: seq<Reading>)
  {
    forall i :: 0 <= i < |path| ==> SingleStep(Before(p, path, i), path[i])
  }

  /** Along any path without double flips the count moves, modulo 4, by the
    * distance travelled along the Gray cycle. */
  lemma {:induction false} TotalFollowsPhase(p: Reading, path: seq<Reading>)
    requires IsReading(p) && forall i :: 0 <= i < |path| ==> IsReading(path[i])
    requires NoDoubleFlips(p, path)
    ensures IsReading(Last(p, path))
    ensures (Total(p, path) - Phase(Last(p, path).s1, Last(p, path).s2) + Phase(p.s1, p.s2)) % 4 == 0
    decreases |path|
  {
    if |path| != 0 {
      var q := path[0];
      var rest := path[1..];
      assert NoDoubleFlips(q, rest) by {
        forall i | 0 <= i < |rest|
          ensures SingleStep(Before(q, rest, i), rest[i])
        {
          assert rest[i] == path[i + 1];
          assert Before(q, rest, i) == Before(p, path, i + 1);
        }
      }
      TotalFollowsPhase(q, rest);
      assert Last(q, rest) == Last(p, path);
      assert SingleStep(Before(p, path, 0), path[0]);
      StepPhase(p, q);
    }
  }

  /** One event without a double flip counts, modulo 4, the distance it
    * moves along the Gray cycle. */
  lemma StepPhase(p: Reading, q: Reading)
    requires IsReading(p) && IsReading(q)
    requires SingleStep(p, q)
    ensures (Delta(p.s1, p.s2, q.s1, q.s2) - Phase(q.s1, q.s2) + Phase(p.s1, p.s2)) % 4 == 0
  {
    DeltaPhase(p.s1, p.s2, q.s1, q.s2);
  }

  /** The next levels along the Gray cycle 00, 10, 11, 01. */
  function Next(r: Reading): Reading
  {
    Reading(CNot(r.s2), r.s1)
  }

  /** Turning once around the Gray cycle, from any start, counts exactly +4
    * and ends where it started. */
  lemma {:induction false} GrayCycle(p: Reading)
    requires IsReading(p)
    ensures Next(Next(Next(Next(p)))) == p
    ensures Total(p, [Next(p), Next(Next(p)), Next(Next(Next(p))), Next(Next(Next(Next(p))))]) == 4
  {
    var n1 := Next(p);
    var n2 := Next(n1);
    var n3 := Next(n2);
    var n4 := Next(n3);
    NextForward(p);
    NextForward(n1);
    NextForward(n2);
    NextForward(n3);
    assert Total(n3, [n4]) == 1;
    assert [n3, n4][1..] == [n4];
    assert Total(n2, [n3, n4]) == 2;
    assert [n2, n3, n4][1..] == [n3, n4];
    assert Total(n1, [n2, n3, n4]) == 3;
    assert [n1, n2, n3, n4][1..] == [n2, n3, n4];
  }

  /** Each step of `Next` counts +1. */
  lemma NextForward(r: Reading)
    requires IsReading(r)
    ensures IsReading(Next(r)) && Delta(r.s1, r.s2, Next(r).s1, Next(r).s2) == 1
  {
  }

  /** The state of one motor's encoder: the channel levels of the previous
    * event, those of the current one, the count and its change flag. */
  class Quadrature {
    var p1: nat
    var p2: nat
    var s1: nat
    var s2: nat
    var counts: int
    var changed: nat

    /** The levels are GPIO readings. */
    predicate Valid()
      reads this
    {
      IsLevel(p1) && IsLevel(p2) && IsLevel(s1) && IsLevel(s2)
    }

    constructor (r1: nat, r2: nat)
      requires IsLevel(r1) && IsLevel(r2)
      ensures Valid()
      ensures p1 == r1 && p2 == r2 && s1 == r1 && s2 == r2
      ensures counts == 0 && changed == 0
    {
      p1, p2 := r1, r2;
      s1, s2 := r1, r2;
      counts, changed := 0, 0;
    }

    /** The initialisation: previous and current levels are the pin
      * readings, the count and its flag are zero. */
    method Reset(r1: nat, r2: nat)
      requires IsLevel(r1) && IsLevel(r2)
      modifies this
      ensures Valid()
      ensures p1 == r1 && p2 == r2 && s1 == r1 && s2 == r2
      ensures counts == 0 && changed == 0
    {
      p1 := r1;
      p2 := r2;
      s1 := p1;
      s2 := p2;
      counts := 0;
      changed := 0;
    }

    /** One event of the handler with the levels `r1`, `r2` just read: the
      * count moves by `Delta`, the flag is set on a move and never cleared,
      * and the current levels become the previous ones. */
    method Update(r1: nat, r2: nat)
      requires Valid() && IsLevel(r1) && IsLevel(r2)
      modifies this
      ensures Valid()
      ensures counts == old(counts) + Delta(old(p1), old(p2), r1, r2)
      ensures changed == if Moved(old(p1), old(p2), r1, r2) then 1 else old(changed)
      ensures p1 == r1 && p2 == r2 && s1 == r1 && s2 == r2
    {
      s1 := r1;
      s2 := r2;
      if (p1 == p2 && s1 == CNot(s2)) || (s1 == s2 && p1 == CNot(p2)) {
        changed := 1;
        if s2 == p1 && s1 == CNot(p2) {
          counts := counts + 1;
        } else {
          counts := counts - 1;
        }
      }
      p1 := s1;
      p2 := s2;
    }

    /** getCountsSensorN. */
    function Counts(): (c: int)
      reads this
      ensures c == counts
    {
      counts
    }
  }

  /** The EXTI lines of the encoder channels, in the order the handler tests
    * them: motor 1 (lines 13, 12), motor 2 (15, 14), motor 3 (11, 10). */
  const Lines: seq<bv32> := [0x2000, 0x1000, 0x8000, 0x4000, 0x0800, 0x0400]

  /** The motor, 1 to 3, of the line at position `k` of `Lines`. */
  function MotorOf(k: nat): (m: nat)
    requires k < 6
    ensures 1 <= m <= 3
  {
    k / 2 + 1
  }

  /** Whether the line at position `k` of `Lines` is pending in `pr`. */
  predicate Pending(pr: bv32, k: nat)
    requires k < 6
  {
    Exti.IsPending(pr, Lines[k])
  }

  /** The position in `Lines`, from `from` on, of the first line pending in
    * `pr`; 6 when there is none. */
  function FirstPending(pr: bv32, from: nat): (k: nat)
    requires from <= 6
    ensures from <= k <= 6
    ensures k < 6 ==> Pending(pr, k)
    decreases 6 - from
  {
    if from == 6 then 6
    else if Pending(pr, from) then from
    else FirstPending(pr, from + 1)
  }

  /** No line before the one `FirstPending` finds is pending. */
  lemma {:induction false} FirstPendingIsFirst(pr: bv32, from: nat, j: nat)
    requires from <= 6
    requires from <= j < FirstPending(pr, from)
    ensures !Pending(pr, j)
    decreases 6 - from
  {
    if j > from {
      FirstPendingIsFirst(pr, from + 1, j);
    }
  }

  /** Clearing line k's pending bit leaves it not pending and keeps the
    * pending state of the other five lines. */
  lemma ClearedLine(pr: bv32, k: nat, j: nat)
    requires k < 6 && j < 6
    ensures !Pending(Bits.AndNot(pr, Lines[k]), k)
    ensures j != k ==> Pending(Bits.AndNot(pr, Lines[k]), j) == Pending(pr, j)
  {
    if j != k {
      assert Lines[k] & Lines[j] == 0;
      Exti.ClearKeepsOthers(pr, Lines[k], Lines[j]);
    }
  }

  /** Two pending registers that agree on the lines from `from` on give
    * the same first pending line from there. */
  lemma {:induction false} FirstPendingAgrees(pr: bv32, pr': bv32, from: nat)
    requires from <= 6
    requires forall j :: from <= j < 6 ==> Pending(pr, j) == Pending(pr', j)
    ensures FirstPending(pr, from) == FirstPending(pr', from)
    decreases 6 - from
  {
    if from < 6 {
      FirstPendingAgrees(pr, pr', from + 1);
    }
  }

  /** Once the handler has cleared the line it served, the next interrupt
    * serves the next pending line of the chain: the first pending line
    * after k, in the order of `Lines`. */
  lemma {:induction false} NextIrqServesNext(pr: bv32, from: nat)
    requires from <= 6 && FirstPending(pr, from) < 6
    ensures var k := FirstPending(pr, from);
            FirstPending(Bits.AndNot(pr, Lines[k]), from) == FirstPending(pr, k + 1)
    decreases 6 - from
  {
    var k := FirstPending(pr, from);
    var pr' := Bits.AndNot(pr, Lines[k]);
    forall j | 0 <= j < 6 ensures j != k ==> Pending(pr', j) == Pending(pr, j) {
      ClearedLine(pr, k, j);
    }
    if from == k {
      ClearedLine(pr, k, k);
      FirstPendingAgrees(pr', pr, k + 1);
    } else {
      ClearedLine(pr, k, from);
      NextIrqServesNext(pr, from + 1);
    }
  }

  /** The pending register `pr'` after the handler served line k of `pr`:
    * line k is no longer pending, the other lines are as they were, and the
    * first pending line is the first one after k. */
  predicate Served(pr: bv32, pr': bv32, k: nat)
    requires k < 6
  {
    !Pending(pr', k) &&
    (forall j :: 0 <= j < 6 && j != k ==> Pending(pr', j) == Pending(pr, j)) &&
    FirstPending(pr', 0) == FirstPending(pr, k + 1)
  }

  /** Clearing the line the handler served leaves the register `Served`
    * describes. */
  lemma ServedLine(pr: bv32, k: nat)
    requires k == FirstPending(pr, 0) < 6
    ensures Served(pr, Bits.AndNot(pr, Lines[k]), k)
  {
    forall j | 0 <= j < 6 {
      ClearedLine(pr, k, j);
    }
    NextIrqServesNext(pr, 0);
  }

  /** The tests of the handler's if-chain: the position of the first line,
    * in the order of `Lines`, that EXTI_GetITStatus_mort reports pending. */
  method PendingLine(exti: Exti.Controller) returns (k: nat)
    ensures k == FirstPending(exti.pr, 0)
  {
    ghost var pr := exti.pr;
    if exti.GetITStatus(Lines[0]) {
      k := 0;
    } else {
      assert FirstPending(pr, 0) == FirstPending(pr, 1);
      if exti.GetITStatus(Lines[1]) {
        k := 1;
      } else {
        assert FirstPending(pr, 1) == FirstPending(pr, 2);
        if exti.GetITStatus(Lines[2]) {
          k := 2;
        } else {
          assert FirstPending(pr, 2) == FirstPending(pr, 3);
          if exti.GetITStatus(Lines[3]) {
            k := 3;
          } else {
            assert FirstPending(pr, 3) == FirstPending(pr, 4);
            if exti.GetITStatus(Lines[4]) {
              k := 4;
            } else {
              assert FirstPending(pr, 4) == FirstPending(pr, 5);
              if exti.GetITStatus(Lines[5]) {
                k := 5;
              } else {
                assert FirstPending(pr, 5) == FirstPending(pr, 6);
                k := 6;
              }
            }
          }
        }
      }
    }
  }

  /** The three encoders the firmware keeps as globals. */
  class Encoders {
    const m1: Quadrature
    const m2: Quadrature
    const m3: Quadrature

    predicate Valid()
      reads this, m1, m2, m3
    {
      m1 != m2 && m1 != m3 && m2 != m3 && m1.Valid() && m2.Valid() && m3.Valid()
    }

    constructor (a: Quadrature, b: Quadrature, c: Quadrature)
      requires a != b && a != c && b != c
      ensures m1 == a && m2 == b && m3 == c
    {
      m1, m2, m3 := a, b, c;
    }

    /** initHaplinkEncoders2Motors: motors 1 and 2 start from their pin
      * readings with zero counts; motor 3 is left alone. */
    method Init2(r11: nat, r12: nat, r21: nat, r22: nat)
      requires m1 != m2 && IsLevel(r11) && IsLevel(r12) && IsLevel(r21) && IsLevel(r22)
      modifies m1, m2
      ensures m1.Valid() && m2.Valid()
      ensures m1.p1 == r11 && m1.p2 == r12 && m1.counts == 0 && m1.changed == 0
      ensures m2.p1 == r21 && m2.p2 == r22 && m2.counts == 0 && m2.changed == 0
    {
      m1.Reset(r11, r12);
      m2.Reset(r21, r22);
    }

    /** initHaplinkEncoders3Motors and initHapticHandEncodersMotors: all
      * three motors start from their pin readings with zero counts. */
    method Init3(r11: nat, r12: nat, r21: nat, r22: nat, r31: nat, r32: nat)
      requires m1 != m2 && m1 != m3 && m2 != m3
      requires IsLevel(r11) && IsLevel(r12) && IsLevel(r21) && IsLevel(r22)
      requires IsLevel(r31) && IsLevel(r32)
      modifies m1, m2, m3
      ensures Valid()
      ensures m1.p1 == r11 && m1.p2 == r12 && m1.counts == 0 && m1.changed == 0
      ensures m2.p1 == r21 && m2.p2 == r22 && m2.counts == 0 && m2.changed == 0
      ensures m3.p1 == r31 && m3.p2 == r32 && m3.counts == 0 && m3.changed == 0
    {
      m1.Reset(r11, r12);
      m2.Reset(r21, r22);
      m3.Reset(r31, r32);
    }

    /** The body of one branch of the handler: motor m steps with the levels
      * read for it and the other two motors are untouched. */
    method Step(m: nat, r11: nat, r12: nat, r21: nat, r22: nat, r31: nat, r32: nat)
      requires Valid() && 1 <= m <= 3
      requires IsLevel(r11) && IsLevel(r12) && IsLevel(r21) && IsLevel(r22)
      requires IsLevel(r31) && IsLevel(r32)
      modifies m1, m2, m3
      ensures Valid()
      ensures m == 1 ==> m1.counts == old(m1.counts) + Delta(old(m1.p1), old(m1.p2), r11, r12)
      ensures m == 1 ==> m1.p1 == r11 && m1.p2 == r12 &&
                         m1.changed == if Moved(old(m1.p1), old(m1.p2), r11, r12) then 1 else old(m1.changed)
      ensures m == 2 ==> m2.counts == old(m2.counts) + Delta(old(m2.p1), old(m2.p2), r21, r22)
      ensures m == 2 ==> m2.p1 == r21 && m2.p2 == r22 &&
                         m2.changed == if Moved(old(m2.p1), old(m2.p2), r21, r22) then 1 else old(m2.changed)
      ensures m == 3 ==> m3.counts == old(m3.counts) + Delta(old(m3.p1), old(m3.p2), r31, r32)
      ensures m == 3 ==> m3.p1 == r31 && m3.p2 == r32 &&
                         m3.changed == if Moved(old(m3.p1), old(m3.p2), r31, r32) then 1 else old(m3.changed)
      ensures m != 1 ==> unchanged(m1)
      ensures m != 2 ==> unchanged(m2)
      ensures m != 3 ==> unchanged(m3)
    {
      if m == 1 {
        m1.Update(r11, r12);
      } else if m == 2 {
        m2.Update(r21, r22);
      } else {
        m3.Update(r31, r32);
      }
    }

    /** EXTI15_10_IRQHandler: only the first pending line, in the order of
      * `Lines`, is handled; its motor steps with the levels read for it and
      * the line's pending bit is cleared. Nothing happens when none of the
      * six lines is pending. */
    method Irq(exti: Exti.Controller, r11: nat, r12: nat, r21: nat, r22: nat, r31: nat, r32: nat)
      returns (k: nat)
      requires Valid()
      requires IsLevel(r11) && IsLevel(r12) && IsLevel(r21) && IsLevel(r22)
      requires IsLevel(r31) && IsLevel(r32)
      modifies m1, m2, m3, exti
      ensures Valid()
      ensures k == FirstPending(old(exti.pr), 0)
      ensures k < 6 ==> exti.pr == Bits.AndNot(old(exti.pr), Lines[k]) && Served(old(exti.pr), exti.pr, k)
      ensures k == 6 ==> exti.pr == old(exti.pr)
      ensures k < 6 && MotorOf(k) == 1 ==> m1.counts == old(m1.counts) + Delta(old(m1.p1), old(m1.p2), r11, r12)
      ensures k < 6 && MotorOf(k) == 1 ==> (m1.p1 == r11 && m1.p2 == r12 &&
                 m1.changed == if Moved(old(m1.p1), old(m1.p2), r11, r12) then 1 else old(m1.changed))
      ensures k < 6 && MotorOf(k) == 2 ==> m2.counts == old(m2.counts) + Delta(old(m2.p1), old(m2.p2), r21, r22)
      ensures k < 6 && MotorOf(k) == 2 ==> (m2.p1 == r21 && m2.p2 == r22 &&
                 m2.changed == if Moved(old(m2.p1), old(m2.p2), r21, r22) then 1 else old(m2.changed))
      ensures k < 6 && MotorOf(k) == 3 ==> m3.counts == old(m3.counts) + Delta(old(m3.p1), old(m3.p2), r31, r32)
      ensures k < 6 && MotorOf(k) == 3 ==> (m3.p1 == r31 && m3.p2 == r32 &&
                 m3.changed == if Moved(old(m3.p1), old(m3.p2), r31, r32) then 1 else old(m3.changed))
      ensures k == 6 || MotorOf(k) != 1 ==> unchanged(m1)
      ensures k == 6 || MotorOf(k) != 2 ==> unchanged(m2)
      ensures k == 6 || MotorOf(k) != 3 ==> unchanged(m3)
    {
      k := PendingLine(exti);
      if k < 6 {
        Step(MotorOf(k), r11, r12, r21, r22, r31, r32);
        ServedLine(old(exti.pr), k);
        exti.ClearITPendingBit(Lines[k]);
      }
    }
  }
}
