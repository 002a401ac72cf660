/**
 * The lock id a thread stamps on the rows it claims: pid, thread pointer and wall clock printed
 * with colons between them into a 40-byte buffer, which keeps at most 39 characters.
 */
module LockIds {

  const BUFFER := 40

  datatype Stamp = Stamp(pid: nat, thread: int, sec: nat, usec: nat) {
    /** A running process and a `GTimeVal`: microseconds stay below one second. */
    ghost predicate Valid() {
      pid > 0 && usec < 1_000_000
    }
  }

  predicate IsDigit(c: char) {
    '0' <= c <= '9'
  }

  function DigitValue(c: char): nat
    requires IsDigit(c)
  {
    c as int - '0' as int
  }

  function Digit(d: nat): (c: char)
    requires d < 10
    ensures IsDigit(c) && DigitValue(c) == d
  {
    "0123456789"[d]
  }

  /** `%ld` of a non-negative number. */
  function Dec(n: nat): (s: string)
    ensures |s| > 0
    ensures forall c :: c in s ==> IsDigit(c)
    ensures ':' !in s
  {
    if n < 10 then [Digit(n)] else Dec(n / 10) + [Digit(n % 10)]
  }

  /** `%ld` of a signed number. */
  function DecInt(n: int): (s: string)
    ensures |s| > 0 && ':' !in s
    ensures s[0] == '-' <==> n < 0
  {
    DecHead(if n < 0 then -n else n);
    if n < 0 then "-" + Dec(-n) else Dec(n)
  }

  /** No leading zero, except in zero itself. */
  lemma {:induction false} DecHead(n: nat)
    ensures IsDigit(Dec(n)[0])
    ensures n > 0 ==> Dec(n)[0] != '0'
  {
    assert Dec(n)[0] in Dec(n);
    if n >= 10 {
      DecHead(n / 10);
    }
  }

  function Head(a: Stamp): string {
    Dec(a.pid) + ":" + DecInt(a.thread) + ":" + Dec(a.sec) + ":"
  }

  function Full(a: Stamp): string {
    Head(a) + Dec(a.usec)
  }

  /** What `g_snprintf` leaves in the buffer. */
  function Cut(s: string): string {
    if |s| < BUFFER then s else s[..BUFFER - 1]
  }

  function Text(a: Stamp): string {
    Cut(Full(a))
  }

  // ----- What is stored -----

  /** Decimal notation: each further digit goes behind the others. */
  lemma DecDigits(n: nat, d: nat)
    requires d < 10
    ensures Dec(d) == ["0123456789"[d]]
    ensures n > 0 ==> Dec(10 * n + d) == Dec(n) + ["0123456789"[d]]
    ensures DecInt(0) == "0"
    ensures n > 0 ==> DecInt(0 - n) == "-" + Dec(n) && DecInt(n) == Dec(n)
  {
    assert (10 * n + d) / 10 == n && (10 * n + d) % 10 == d;
  }

  /**
   * The stored text is pid, address, seconds and microseconds with colons between them, cut off after 39 characters if
   * that is longer.
   */
  lemma TextExactly(a: Stamp)
    ensures var whole := Dec(a.pid) + ":" + DecInt(a.thread) + ":" + Dec(a.sec) + ":" + Dec(a.usec);
      && |Text(a)| == (if |whole| <= 39 then |whole| else 39)
      && Text(a) == whole[..|Text(a)|]
      && (|whole| <= 39 ==> Text(a) == whole)
  {
  }

  // ----- Printing is injective -----

  function Value(s: string): nat
    requires forall c :: c in s ==> IsDigit(c)
  {
    if s == "" then 0
    else Value(s[..|s| - 1]) * 10 + DigitValue(s[|s| - 1])
  }

  lemma {:induction false} ValueOfDec(n: nat)
    ensures Value(Dec(n)) == n
  {
    if n < 10 {
      assert Dec(n)[..0] == "";
    } else {
      ValueOfDec(n / 10);
      assert Dec(n)[..|Dec(n)| - 1] == Dec(n / 10);
    }
  }

  lemma FirstColon(a: string, x: string)
    requires ':' !in a
    ensures (a + ":" + x)[|a|] == ':'
    ensures forall i :: 0 <= i < |a| ==> (a + ":" + x)[i] != ':'
    ensures (a + ":" + x)[..|a|] == a && (a + ":" + x)[|a| + 1..] == x
  {
    assert forall i :: 0 <= i < |a| ==> (a + ":" + x)[i] == a[i];
  }

  /** A field without a colon is read back from in front of the first colon. */
  lemma FieldSplit(a: string, x: string, b: string, y: string)
    requires ':' !in a && ':' !in b
    requires a + ":" + x == b + ":" + y
    ensures a == b && x == y
  {
    FirstColon(a, x);
    FirstColon(b, y);
  }

  lemma DecInjective(m: nat, n: nat)
    requires Dec(m) == Dec(n)
    ensures m == n
  {
    ValueOfDec(m);
    ValueOfDec(n);
  }

  lemma DecIntInjective(m: int, n: int)
    requires DecInt(m) == DecInt(n)
    ensures m == n
  {
    if m < 0 {
      assert Dec(-m) == DecInt(m)[1..] == DecInt(n)[1..] == Dec(-n);
      DecInjective(-m, -n);
    } else {
      DecInjective(m, n);
    }
  }

  lemma FourFields(p: string, t: string, s: string, u: string, p': string, t': string, s': string, u': string)
    requires ':' !in p && ':' !in t && ':' !in s && ':' !in p' && ':' !in t' && ':' !in s'
    requires p + ":" + t + ":" + s + ":" + u == p' + ":" + t' + ":" + s' + ":" + u'
    ensures p == p' && t == t' && s == s' && u == u'
  {
    var su, su' := s + ":" + u, s' + ":" + u';
    var tsu, tsu' := t + ":" + su, t' + ":" + su';
    assert p + ":" + t + ":" + s + ":" + u == p + ":" + tsu;
    assert p' + ":" + t' + ":" + s' + ":" + u' == p' + ":" + tsu';
    FieldSplit(p, tsu, p', tsu');
    FieldSplit(t, su, t', su');
    FieldSplit(s, u, s', u');
  }

  /** The four fields with something appended to the last. */
  lemma FullFields(a: Stamp, tail: string)
    ensures Full(a) + tail ==
      Dec(a.pid) + ":" + DecInt(a.thread) + ":" + Dec(a.sec) + ":" + (Dec(a.usec) + tail)
  {
    assert Full(a) + tail == Head(a) + (Dec(a.usec) + tail);
  }

  /** If the text of `a` is the beginning of the text of `b`, only the microseconds can differ. */
  lemma FullPrefix(a: Stamp, b: Stamp, tail: string)
    requires Full(a) + tail == Full(b)
    ensures a.pid == b.pid && a.thread == b.thread && a.sec == b.sec
    ensures Dec(a.usec) + tail == Dec(b.usec)
  {
    FullFields(a, tail);
    FourFields(Dec(a.pid), DecInt(a.thread), Dec(a.sec), Dec(a.usec) + tail,
               Dec(b.pid), DecInt(b.thread), Dec(b.sec), Dec(b.usec));
    DecInjective(a.pid, b.pid);
    DecIntInjective(a.thread, b.thread);
    DecInjective(a.sec, b.sec);
  }

  function Pow10(k: nat): nat {
    if k == 0 then 1 else 10 * Pow10(k - 1)
  }

  lemma {:induction false} DecLength(n: nat, k: nat)
    requires k > 0
    ensures |Dec(n)| <= k <==> n < Pow10(k)
  {
    if k == 1 {
      assert Pow10(1) == 10;
    } else if n >= 10 {
      DecLength(n / 10, k - 1);
    } else {
      assert Pow10(k - 1) >= 1 by { Pow10Positive(k - 1); }
    }
  }

  lemma {:induction false} Pow10Positive(k: nat)
    ensures Pow10(k) >= 1
  {
    if k > 0 { Pow10Positive(k - 1); }
  }

  // ----- When a stored lock id identifies the call that made it -----

  /** Truncation can merge this stamp with another one. */
  predicate Ambiguous(a: Stamp) {
    || |Full(a)| >= BUFFER
    || (|Full(a)| == BUFFER - 1 && 0 < a.usec < 100_000)
  }

  /** A different microsecond count whose stored text is the same as that of `a`. */
  function Twin(a: Stamp): Stamp {
    if |Full(a)| >= BUFFER then
      a.(usec := a.usec / 10 * 10 + (a.usec % 10 + 1) % 10)
    else
      a.(usec := a.usec * 10)
  }

  lemma CutDropsLast(head: string, stem: string, x: char, y: char)
    requires |head| + |stem| + 1 >= BUFFER
    ensures Cut(head + (stem + [x])) == Cut(head + (stem + [y]))
  {
    assert head + (stem + [x]) == (head + stem) + [x];
    assert head + (stem + [y]) == (head + stem) + [y];
  }

  lemma SameButLastDigit(m: nat, d: nat)
    requires d < 10
    ensures var stem := if m < 10 then "" else Dec(m / 10);
            Dec(m) == stem + [Digit(m % 10)] && Dec(m / 10 * 10 + d) == stem + [Digit(d)]
  {
    var n := m / 10 * 10 + d;
    assert n / 10 == m / 10 && n % 10 == d;
  }

  lemma OtherDigit(m: nat)
    requires m < 1_000_000
    ensures var d := (m % 10 + 1) % 10; d != m % 10 && m / 10 * 10 + d != m && m / 10 * 10 + d < 1_000_000
  {
  }

  lemma DropsLast(a: Stamp, b: Stamp, stem: string, x: char, y: char)
    requires Head(a) == Head(b) && Dec(a.usec) == stem + [x] && Dec(b.usec) == stem + [y]
    requires |Full(a)| >= BUFFER
    ensures Text(a) == Text(b)
  {
    CutDropsLast(Head(a), stem, x, y);
  }

  lemma LongTwinCollides(a: Stamp)
    requires a.Valid() && |Full(a)| >= BUFFER
    ensures Twin(a).Valid() && Twin(a) != a && Text(Twin(a)) == Text(a)
  {
    var m, d := a.usec, (a.usec % 10 + 1) % 10;
    var b := Twin(a);
    OtherDigit(m);
    SameButLastDigit(m, d);
    assert b.usec == m / 10 * 10 + d;
    assert Head(b) == Head(a);
    DropsLast(a, b, if m < 10 then "" else Dec(m / 10), Digit(m % 10), Digit(d));
  }

  lemma ShortTwinCollides(a: Stamp)
    requires a.Valid() && |Full(a)| == BUFFER - 1 && 0 < a.usec < 100_000
    ensures Twin(a).Valid() && Twin(a) != a && Text(Twin(a)) == Text(a)
  {
    var b := Twin(a);
    assert b.usec / 10 == a.usec && b.usec % 10 == 0;
    assert Dec(b.usec) == Dec(a.usec) + [Digit(0)];
    assert Full(b) == Full(a) + [Digit(0)];
    assert Full(b)[..BUFFER - 1] == Full(a);
  }

  lemma TwinCollides(a: Stamp)
    requires a.Valid() && Ambiguous(a)
    ensures Twin(a).Valid() && Twin(a) != a && Text(Twin(a)) == Text(a)
  {
    if |Full(a)| >= BUFFER {
      LongTwinCollides(a);
    } else {
      ShortTwinCollides(a);
    }
  }

  /** Among six-digit counts, only the ones with five digits or fewer, bar zero, are proper beginnings. */
  lemma TailEmpty(m: nat, n: nat, tail: string)
    requires Dec(m) + tail == Dec(n)
    requires n < 1_000_000 && (m == 0 || m >= 100_000)
    ensures tail == ""
  {
    assert Pow10(5) == 100_000 && Pow10(6) == 1_000_000 by {
      assert Pow10(2) == 100 && Pow10(4) == 10_000;
    }
    DecLength(n, 6);
    DecLength(m, 5);
    DecHead(n);
    assert Dec(n)[0] == Dec(m)[0];
  }

  lemma UnambiguousUnique(a: Stamp, b: Stamp)
    requires a.Valid() && b.Valid() && !Ambiguous(a) && Text(a) == Text(b)
    ensures a == b
  {
    var tail := Full(b)[|Full(a)|..];
    assert Full(a) + tail == Full(b);
    FullPrefix(a, b, tail);
    if |Full(a)| == BUFFER - 1 {
      TailEmpty(a.usec, b.usec, tail);
    }
    DecInjective(a.usec, b.usec);
  }

  /**
   * The stored lock id names one call of `find_jobs` exactly when truncation leaves no ambiguity: nothing is cut off,
   * and if all 39 characters are in use, the microseconds are 0 or have six digits.
   */
  lemma TextIdentifiesCall(a: Stamp)
    requires a.Valid()
    ensures var whole := Dec(a.pid) + ":" + DecInt(a.thread) + ":" + Dec(a.sec) + ":" + Dec(a.usec);
      |whole| < 39 || (|whole| == 39 && (a.usec == 0 || a.usec >= 100_000)) <==>
      forall b: Stamp :: b.Valid() && Text(b) == Text(a) ==> b == a
  {
    assert Full(a) == Dec(a.pid) + ":" + DecInt(a.thread) + ":" + Dec(a.sec) + ":" + Dec(a.usec);
    if Ambiguous(a) {
      TwinCollides(a);
    } else {
      forall b: Stamp | b.Valid() && Text(b) == Text(a) ensures b == a {
        UnambiguousUnique(a, b);
      }
    }
  }

  lemma SmallPowers()
    ensures Pow10(5) == 100_000 && Pow10(6) == 1_000_000 && Pow10(9) == 10_0000_0000
    ensures Pow10(10) == 100_0000_0000 && Pow10(14) == 100_0000_0000_0000 && Pow10(15) == 1000_0000_0000_0000
  {
    assert Pow10(2) == 100 && Pow10(4) == 10_000 && Pow10(8) == 1_0000_0000;
    assert Pow10(12) == 1_0000_0000_0000 && Pow10(14) == 100_0000_0000_0000;
  }

  /** With a five-digit pid, a 15-digit address and a ten-digit second, every call of `find_jobs` has its own text. */
  lemma NoAmbiguity(a: Stamp, b: Stamp)
    requires a.Valid() && b.Valid() && Text(a) == Text(b)
    requires a.pid < 100_000 && 0 <= a.thread < 1000_0000_0000_0000 && a.sec < 100_0000_0000
    ensures a == b
  {
    SmallPowers();
    DecLength(a.pid, 5);
    DecLength(a.thread, 15);
    DecLength(a.sec, 10);
    DecLength(a.usec, 6);
    DecLength(a.usec, 5);
    assert |Full(a)| == |Dec(a.pid)| + |Dec(a.thread)| + |Dec(a.sec)| + |Dec(a.usec)| + 3;
    UnambiguousUnique(a, b);
  }

  /** With a seven-digit pid the text is cut, and another call of the same thread in the same second has it too. */
  lemma LongPidCollides(a: Stamp)
    requires a.Valid() && a.pid >= 1_000_000 && a.thread >= 100_0000_0000_0000
    requires a.sec >= 10_0000_0000 && a.usec >= 100_000
    ensures exists b: Stamp ::
      b.Valid() && b != a && b.pid == a.pid && b.thread == a.thread && b.sec == a.sec && Text(b) == Text(a)
  {
    SmallPowers();
    DecLength(a.pid, 6);
    DecLength(a.thread, 14);
    DecLength(a.sec, 9);
    DecLength(a.usec, 5);
    assert |Full(a)| == |Dec(a.pid)| + |Dec(a.thread)| + |Dec(a.sec)| + |Dec(a.usec)| + 3;
    TwinCollides(a);
  }

  // ----- What no truncation loses: process and thread -----

  /** Pid and thread pointer, with their colons, fit into the buffer. */
  predicate OwnerFits(a: Stamp) {
    |Dec(a.pid)| + |DecInt(a.thread)| + 2 < BUFFER
  }

  lemma OwnerInFront(a: Stamp)
    requires OwnerFits(a)
    ensures exists rest :: Text(a) == Dec(a.pid) + ":" + (DecInt(a.thread) + ":" + rest)
  {
    var front := Dec(a.pid) + ":" + DecInt(a.thread) + ":";
    var rest := Text(a)[|front|..];
    assert Full(a)[..|front|] == front;
    assert Text(a) == front + rest;
    assert Text(a) == Dec(a.pid) + ":" + (DecInt(a.thread) + ":" + rest);
  }

  /** Two calls with the same stored lock id come from the same thread of the same process. */
  lemma TextIdentifiesOwner(a: Stamp, b: Stamp)
    requires OwnerFits(a) && OwnerFits(b) && Text(a) == Text(b)
    ensures a.pid == b.pid && a.thread == b.thread
  {
    OwnerInFront(a);
    OwnerInFront(b);
    var x :| Text(a) == Dec(a.pid) + ":" + (DecInt(a.thread) + ":" + x);
    var y :| Text(b) == Dec(b.pid) + ":" + (DecInt(b.thread) + ":" + y);
    FieldSplit(Dec(a.pid), DecInt(a.thread) + ":" + x, Dec(b.pid), DecInt(b.thread) + ":" + y);
    FieldSplit(DecInt(a.thread), x, DecInt(b.thread), y);
    DecInjective(a.pid, b.pid);
    DecIntInjective(a.thread, b.thread);
  }

  const PID_LIMIT := 0x8000_0000
  const LONG_LIMIT := 0x8000_0000_0000_0000

  /** With a 32-bit pid and a 64-bit pointer they always fit. */
  lemma MachineWidthsFit(a: Stamp)
    requires a.pid < PID_LIMIT && -LONG_LIMIT <= a.thread < LONG_LIMIT
    ensures OwnerFits(a)
  {
    assert Pow10(4) == 10_000 && Pow10(8) == 1_0000_0000 && Pow10(10) == 100_0000_0000 by {
      assert Pow10(2) == 100 && Pow10(6) == 1_000_000;
    }
    assert Pow10(12) == 1_0000_0000_0000 && Pow10(14) == 100_0000_0000_0000;
    assert Pow10(16) == 1_0000_0000_0000_0000 && Pow10(18) == 100_0000_0000_0000_0000;
    DecLength(a.pid, 10);
    DecLength(if a.thread < 0 then -a.thread else a.thread, 19);
  }

  lemma MachineOwner(a: Stamp, b: Stamp)
    requires a.pid < 0x8000_0000 && b.pid < 0x8000_0000
    requires -0x8000_0000_0000_0000 <= a.thread < 0x8000_0000_0000_0000
    requires -0x8000_0000_0000_0000 <= b.thread < 0x8000_0000_0000_0000
    requires Text(a) == Text(b)
    ensures a.pid == b.pid && a.thread == b.thread
  {
    MachineWidthsFit(a);
    MachineWidthsFit(b);
    TextIdentifiesOwner(a, b);
  }

  // ----- Comparing a lock id with the number 0 -----

  function DigitRun(s: string): nat {
    if s != "" && IsDigit(s[0]) then 1 + DigitRun(s[1..]) else 0
  }

  lemma {:induction false} DigitRunBound(s: string)
    ensures DigitRun(s) <= |s|
    ensures forall c :: c in s[..DigitRun(s)] ==> IsDigit(c)
  {
    if s != "" && IsDigit(s[0]) {
      DigitRunBound(s[1..]);
      assert s[..DigitRun(s)] == [s[0]] + s[1..][..DigitRun(s[1..])];
    }
  }

  /** MySQL's number for a string: the value of its leading digits, 0 when there are none. */
  function NumericPrefix(s: string): nat {
    DigitRunBound(s);
    Value(s[..DigitRun(s)])
  }

  lemma {:induction false} ValuePositive(s: string)
    requires |s| > 0 && s[0] != '0'
    requires forall c :: c in s ==> IsDigit(c)
    ensures Value(s) > 0
  {
    if |s| > 1 {
      ValuePositive(s[..|s| - 1]);
    }
  }

  /** No lock id is empty, and none compares equal to 0; the empty text does. */
  lemma LockIdIsNotZero(a: Stamp)
    requires a.Valid()
    ensures Text(a) != "" && NumericPrefix(Text(a)) != 0 && NumericPrefix("") == 0
  {
    var s := Text(a);
    DecHead(a.pid);
    assert s[0] == Dec(a.pid)[0];
    assert DigitRun(s) >= 1;
    DigitRunBound(s);
    var d := s[..DigitRun(s)];
    assert d[0] == s[0];
    ValuePositive(d);
  }

  lemma {:induction false} DigitRunIs(d: string, rest: string)
    requires (forall c :: c in d ==> IsDigit(c)) && (rest == "" || !IsDigit(rest[0]))
    ensures DigitRun(d + rest) == |d|
  {
    if d == "" {
      assert d + rest == rest;
    } else {
      assert (d + rest)[1..] == d[1..] + rest;
      DigitRunIs(d[1..], rest);
    }
  }

  /** What MySQL makes of a lock id: the pid in front of it. */
  lemma NumberIsPid(a: Stamp)
    requires OwnerFits(a)
    ensures NumericPrefix(Text(a)) == a.pid
  {
    OwnerInFront(a);
    var rest :| Text(a) == Dec(a.pid) + ":" + (DecInt(a.thread) + ":" + rest);
    var tail := ":" + (DecInt(a.thread) + ":" + rest);
    assert Text(a) == Dec(a.pid) + tail;
    DigitRunIs(Dec(a.pid), tail);
    assert Text(a)[..|Dec(a.pid)|] == Dec(a.pid);
    ValueOfDec(a.pid);
  }
}
